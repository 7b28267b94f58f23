/** The supervisor's scoring page: the roster of a group keyed by student
    number (NIM), the merge of already-saved scores into it, single-row
    edits, and the per-row create-or-update decision of "save all". */
module Penilaian {
  import opened Common

  /** A member as stored in the group's embedded member list. */
  datatype Anggota = Anggota(nama: string, nim: string, prodiNama: string)

  /** The expanded group leader; `prodi` is the expanded programme name, if any. */
  datatype Ketua = Ketua(id: string, namaLengkap: string, nim: string, prodi: Option<string>)

  datatype Kelompok = Kelompok(id: string, anggota: seq<Anggota>, ketua: Option<Ketua>)

  /** A saved score. */
  datatype NilaiRecord = NilaiRecord(id: string, kelompok: string, nim: string, nama: string,
                                     dpl: string, nilaiAkhir: real, catatan: string)

  /** A row of the scoring table. */
  datatype MahasiswaWithNilai = MahasiswaWithNilai(nim: string, nama: string, prodi: string,
                                                   nilaiId: Option<string>, nilaiAkhir: real, catatan: string)

  // ------------------------------------------------------------------ roster

  datatype Student = Student(nama: string, prodi: string)

  /** A JavaScript `Map` from NIM to student: its keys in first-insertion order. */
  datatype Roster = Roster(keys: seq<string>, vals: map<string, Student>)

  ghost predicate Valid(r: Roster) {
    NoDup(r.keys) && forall k :: k in r.vals <==> k in r.keys
  }

  /** `Map.prototype.set`: a new key goes to the end, an existing key keeps
      its place and only its value changes. */
  function Put(r: Roster, k: string, v: Student): Roster {
    Roster(if k in r.vals then r.keys else r.keys + [k], r.vals[k := v])
  }

  lemma PutValid(r: Roster, k: string, v: Student)
    requires Valid(r)
    ensures Valid(Put(r, k, v))
    ensures k in r.vals ==> Put(r, k, v).keys == r.keys
    ensures k !in r.vals ==> Put(r, k, v).keys == r.keys + [k]
    ensures Put(r, k, v).vals[k] == v
    ensures forall k' :: k' != k && k' in r.vals ==> Put(r, k, v).vals[k'] == r.vals[k']
  {
  }

  /** Only a member with both a NIM and a name enters the roster. */
  predicate Qualifies(a: Anggota) {
    a.nim != "" && a.nama != ""
  }

  /** The roster after the `forEach` over the first `|ms|` members. */
  function MemberRoster(ms: seq<Anggota>): Roster {
    if |ms| == 0 then Roster([], map[]) else
    var r := MemberRoster(ms[..|ms| - 1]);
    var a := ms[|ms| - 1];
    if Qualifies(a) then Put(r, a.nim, Student(a.nama, a.prodiNama)) else r
  }

  /** The leader's entry, when the leader has both a NIM and a name; the
      programme defaults to 'Ketua'. */
  function LeaderEntry(k: Kelompok): Option<(string, Student)> {
    if k.ketua.Some? && k.ketua.value.nim != "" && k.ketua.value.namaLengkap != "" then
      Some((k.ketua.value.nim, Student(k.ketua.value.namaLengkap, Fallback(k.ketua.value.prodi, "Ketua"))))
    else None
  }

  /** The whole roster: the members, then the leader set on top. */
  function RosterOf(k: Kelompok): Roster {
    var r := MemberRoster(k.anggota);
    match LeaderEntry(k)
    case Some(e) => Put(r, e.0, e.1)
    case None => r
  }

  datatype RosterEntry = RosterEntry(nim: string, nama: string, prodi: string)

  /** `Array.from(map.entries())` spread into records. */
  function Entries(r: Roster): (es: seq<RosterEntry>)
    requires Valid(r)
    ensures |es| == |r.keys|
    ensures forall i :: 0 <= i < |es| ==> es[i].nim == r.keys[i]
  {
    seq(|r.keys|, i requires 0 <= i < |r.keys| =>
      RosterEntry(r.keys[i], r.vals[r.keys[i]].nama, r.vals[r.keys[i]].prodi))
  }

  lemma {:induction false} MemberRosterValid(ms: seq<Anggota>)
    ensures Valid(MemberRoster(ms))
  {
    if |ms| > 0 {
      MemberRosterValid(ms[..|ms| - 1]);
      var a := ms[|ms| - 1];
      if Qualifies(a) {
        PutValid(MemberRoster(ms[..|ms| - 1]), a.nim, Student(a.nama, a.prodiNama));
      }
    }
  }

  lemma RosterValid(k: Kelompok)
    ensures Valid(RosterOf(k))
  {
    MemberRosterValid(k.anggota);
    var e := LeaderEntry(k);
    if e.Some? {
      PutValid(MemberRoster(k.anggota), e.value.0, e.value.1);
    }
  }

  /** A NIM is a key of the member roster exactly when some member with a
      non-empty NIM and name carries it; the empty NIM never is. */
  lemma {:induction false} MemberRosterKeys(ms: seq<Anggota>, nim: string)
    ensures nim in MemberRoster(ms).vals <==>
      exists j :: 0 <= j < |ms| && Qualifies(ms[j]) && ms[j].nim == nim
    ensures "" !in MemberRoster(ms).vals
  {
    if |ms| > 0 {
      var init := ms[..|ms| - 1];
      MemberRosterKeys(init, nim);
      if nim in MemberRoster(ms).vals && nim !in MemberRoster(init).vals {
        assert Qualifies(ms[|ms| - 1]) && ms[|ms| - 1].nim == nim;
      }
      if exists j :: 0 <= j < |ms| && Qualifies(ms[j]) && ms[j].nim == nim {
        var j :| 0 <= j < |ms| && Qualifies(ms[j]) && ms[j].nim == nim;
        if j < |ms| - 1 {
          assert init[j] == ms[j];
        }
      }
    }
  }

  /** A later member with the same NIM overwrites the value of an earlier
      one: the roster holds the last qualifying member with that NIM. */
  lemma {:induction false} MemberRosterLastWins(ms: seq<Anggota>, j: nat)
    requires j < |ms| && Qualifies(ms[j])
    requires forall j' :: j < j' < |ms| ==> !(Qualifies(ms[j']) && ms[j'].nim == ms[j].nim)
    ensures ms[j].nim in MemberRoster(ms).vals
    ensures MemberRoster(ms).vals[ms[j].nim] == Student(ms[j].nama, ms[j].prodiNama)
  {
    var init := ms[..|ms| - 1];
    if j < |ms| - 1 {
      assert init[j] == ms[j];
      MemberRosterLastWins(init, j);
    }
  }

  /** The leader's NIM maps to the leader's name; if that NIM was already a
      member the key order is untouched, otherwise it is appended last. */
  lemma LeaderOverwrites(k: Kelompok)
    requires LeaderEntry(k).Some?
    ensures var nim := k.ketua.value.nim;
      nim in RosterOf(k).vals &&
      RosterOf(k).vals[nim] == Student(k.ketua.value.namaLengkap, Fallback(k.ketua.value.prodi, "Ketua")) &&
      (nim in MemberRoster(k.anggota).vals ==> RosterOf(k).keys == MemberRoster(k.anggota).keys) &&
      (nim !in MemberRoster(k.anggota).vals ==> RosterOf(k).keys == MemberRoster(k.anggota).keys + [nim])
  {
    MemberRosterValid(k.anggota);
    PutValid(MemberRoster(k.anggota), k.ketua.value.nim, LeaderEntry(k).value.1);
  }

  /** The roster lists each NIM once. */
  lemma RosterDistinct(k: Kelompok)
    ensures Valid(RosterOf(k))
    ensures forall i, j :: 0 <= i < j < |Entries(RosterOf(k))| ==>
      Entries(RosterOf(k))[i].nim != Entries(RosterOf(k))[j].nim
  {
    RosterValid(k);
  }

  /** The roster built by the `forEach` loop and the leader's `set`. */
  method BuildRoster(k: Kelompok) returns (students: seq<RosterEntry>)
    ensures Valid(RosterOf(k))
    ensures students == Entries(RosterOf(k))
  {
    var keys: seq<string> := [];
    var vals: map<string, Student> := map[];
    var i := 0;
    while i < |k.anggota|
      invariant 0 <= i <= |k.anggota|
      invariant Roster(keys, vals) == MemberRoster(k.anggota[..i])
    {
      var a := k.anggota[i];
      assert k.anggota[..i + 1][..i] == k.anggota[..i];
      if a.nim != "" && a.nama != "" {
        if a.nim !in vals {
          keys := keys + [a.nim];
        }
        vals := vals[a.nim := Student(a.nama, a.prodiNama)];
      }
      i := i + 1;
    }
    assert k.anggota[..i] == k.anggota;
    if k.ketua.Some? && k.ketua.value.nim != "" && k.ketua.value.namaLengkap != "" {
      var l := k.ketua.value;
      if l.nim !in vals {
        keys := keys + [l.nim];
      }
      vals := vals[l.nim := Student(l.namaLengkap, Fallback(l.prodi, "Ketua"))];
    }
    RosterValid(k);
    students := Entries(Roster(keys, vals));
  }

  // ------------------------------------------------------------------- merge

  /** `existing.find(n => n.mahasiswa_nim === nim)`. */
  function FindNilai(ns: seq<NilaiRecord>, nim: string): (r: Option<NilaiRecord>)
    ensures r.None? <==> forall j :: 0 <= j < |ns| ==> ns[j].nim != nim
    ensures r.Some? ==> exists j :: 0 <= j < |ns| && ns[j] == r.value && FirstScoreAt(ns, nim, j)
  {
    if |ns| == 0 then None
    else if ns[0].nim == nim then (assert FirstScoreAt(ns, nim, 0); Some(ns[0]))
    else
      var r := FindNilai(ns[1..], nim);
      assert r.Some? ==> exists j :: 0 <= j < |ns| && ns[j] == r.value && FirstScoreAt(ns, nim, j) by {
        if r.Some? {
          var j :| 0 <= j < |ns| - 1 && ns[1..][j] == r.value && FirstScoreAt(ns[1..], nim, j);
          assert FirstScoreAt(ns, nim, j + 1);
        }
      }
      r
  }

  /** `ns[j]` is the first score for `nim`. */
  ghost predicate FirstScoreAt(ns: seq<NilaiRecord>, nim: string, j: int) {
    0 <= j < |ns| && ns[j].nim == nim && forall j' :: 0 <= j' < j ==> ns[j'].nim != nim
  }

  /** The first score for a NIM is unique, so it is the one merged. */
  lemma FirstScoreUnique(ns: seq<NilaiRecord>, nim: string, j: int, j': int)
    requires FirstScoreAt(ns, nim, j) && FirstScoreAt(ns, nim, j')
    ensures j == j'
  {
  }

  function MergeRow(e: RosterEntry, ns: seq<NilaiRecord>): MahasiswaWithNilai {
    var n := FindNilai(ns, e.nim);
    MahasiswaWithNilai(e.nim, e.nama, e.prodi,
                       if n.Some? then Some(n.value.id) else None,
                       if n.Some? then n.value.nilaiAkhir else 0.0,
                       if n.Some? then n.value.catatan else "")
  }

  /** The roster merged with the saved scores: same length and order; a row
      takes id, score and note from the first saved score with its NIM, and
      no id, 0 and '' when there is none. */
  function Merge(es: seq<RosterEntry>, ns: seq<NilaiRecord>): (rows: seq<MahasiswaWithNilai>)
    ensures |rows| == |es|
    ensures forall i :: 0 <= i < |rows| ==>
      rows[i].nim == es[i].nim && rows[i].nama == es[i].nama && rows[i].prodi == es[i].prodi
    ensures forall i :: 0 <= i < |rows| ==>
      (rows[i].nilaiId.None? <==> forall j :: 0 <= j < |ns| ==> ns[j].nim != es[i].nim)
    ensures forall i :: 0 <= i < |rows| && rows[i].nilaiId.None? ==>
      rows[i].nilaiAkhir == 0.0 && rows[i].catatan == ""
    ensures forall i, j :: 0 <= i < |rows| && FirstScoreAt(ns, es[i].nim, j) ==>
      rows[i].nilaiId == Some(ns[j].id) && rows[i].nilaiAkhir == ns[j].nilaiAkhir &&
      rows[i].catatan == ns[j].catatan
  {
    seq(|es|, i requires 0 <= i < |es| => MergeRow(es[i], ns))
  }

  // ------------------------------------------------------------- page state

  datatype PenilaianState = PenilaianState(selected: Option<Kelompok>, mahasiswa: seq<MahasiswaWithNilai>)

  /** What fetching the group's saved scores gave. */
  datatype ScoreFetch = Fetched(records: seq<NilaiRecord>) | FetchFailed

  /** `kelompokList.find(k => k.id === id)`. */
  function FindKelompok(ks: seq<Kelompok>, id: string): Option<Kelompok> {
    Find(ks, (k: Kelompok) => k.id == id)
  }

  /** `handleKelompokChange`. The scores are fetched only for a non-empty
      roster; `fetch` is what that fetch gives. */
  function SelectKelompok(st: PenilaianState, ks: seq<Kelompok>, id: string, fetch: ScoreFetch): (st': PenilaianState)
    ensures id == "" ==> st' == PenilaianState(None, [])
    ensures id != "" && FindKelompok(ks, id).None? ==> st' == PenilaianState(None, st.mahasiswa)
    ensures id != "" && FindKelompok(ks, id).Some? ==> st'.selected == FindKelompok(ks, id)
    ensures id != "" && FindKelompok(ks, id).Some? && RosterOf(FindKelompok(ks, id).value).keys == [] ==>
      st'.mahasiswa == []
    ensures fetch.FetchFailed? && st'.selected.Some? ==> st'.mahasiswa == []
    ensures st'.selected.Some? && fetch.Fetched? ==>
      Valid(RosterOf(st'.selected.value)) &&
      st'.mahasiswa == Merge(Entries(RosterOf(st'.selected.value)), fetch.records)
  {
    if id == "" then PenilaianState(None, [])
    else match FindKelompok(ks, id)
      case None => PenilaianState(None, st.mahasiswa)
      case Some(k) =>
        RosterValid(k);
        var students := Entries(RosterOf(k));
        if |students| == 0 then PenilaianState(Some(k), [])
        else match fetch
          case FetchFailed => PenilaianState(Some(k), [])
          case Fetched(ns) => PenilaianState(Some(k), Merge(students, ns))
  }

  // --------------------------------------------------------------- row edits

  /** `Number(value) || 0`, with `input` the number the text parses to
      (`None` for NaN): non-numeric input becomes 0. */
  function Coerce(input: Option<real>): real {
    if input.Some? then input.value else 0.0
  }

  /** `handleNilaiChange`: the score of the rows with that NIM, and nothing else. */
  function SetNilai(rows: seq<MahasiswaWithNilai>, nim: string, input: Option<real>): (rows': seq<MahasiswaWithNilai>)
    ensures |rows'| == |rows|
    ensures forall i :: 0 <= i < |rows| && rows[i].nim != nim ==> rows'[i] == rows[i]
    ensures forall i :: 0 <= i < |rows| && rows[i].nim == nim ==>
      rows'[i] == rows[i].(nilaiAkhir := if input.Some? then input.value else 0.0)
  {
    seq(|rows|, i requires 0 <= i < |rows| =>
      if rows[i].nim == nim then rows[i].(nilaiAkhir := Coerce(input)) else rows[i])
  }

  /** `handleCatatanChange`: the note of the rows with that NIM, and nothing else. */
  function SetCatatan(rows: seq<MahasiswaWithNilai>, nim: string, value: string): (rows': seq<MahasiswaWithNilai>)
    ensures |rows'| == |rows|
    ensures forall i :: 0 <= i < |rows| && rows[i].nim != nim ==> rows'[i] == rows[i]
    ensures forall i :: 0 <= i < |rows| && rows[i].nim == nim ==> rows'[i] == rows[i].(catatan := value)
  {
    seq(|rows|, i requires 0 <= i < |rows| =>
      if rows[i].nim == nim then rows[i].(catatan := value) else rows[i])
  }

  /** An edit keeps the roster: the NIMs, names and saved-score ids of the
      rows stay as they were, so a later save still updates the same records. */
  lemma EditsKeepRoster(rows: seq<MahasiswaWithNilai>, nim: string, input: Option<real>, note: string)
    ensures var r1 := SetNilai(rows, nim, input); var r2 := SetCatatan(r1, nim, note);
      |r2| == |rows| &&
      forall i :: 0 <= i < |rows| ==>
        r2[i].nim == rows[i].nim && r2[i].nama == rows[i].nama && r2[i].nilaiId == rows[i].nilaiId
  {
  }

  // -------------------------------------------------------------------- save

  datatype Payload = Payload(kelompok: string, nim: string, nama: string, dpl: string,
                             nilaiAkhir: real, catatan: string)

  /** One backend request of "save all". */
  datatype SaveRequest = Update(id: string, payload: Payload) | Create(payload: Payload)

  const NothingToSave := "Tidak ada data untuk disimpan."

  /** `handleSaveAllNilai` up to the requests it fans out: refused without a
      selected group, a signed-in user (`userId`) or rows; otherwise one
      request per row, an update when the row has a saved-score id. */
  method SaveAllNilai(selected: Option<Kelompok>, userId: Option<string>, rows: seq<MahasiswaWithNilai>)
    returns (r: Result<seq<SaveRequest>, string>)
    ensures r.Failure? <==> selected.None? || userId.None? || |rows| == 0
    ensures r.Failure? ==> r.error == NothingToSave
    ensures r.Success? ==> |r.value| == |rows|
    ensures r.Success? ==> forall i :: 0 <= i < |rows| ==>
      r.value[i].payload == Payload(selected.value.id, rows[i].nim, rows[i].nama, userId.value,
                                    rows[i].nilaiAkhir, rows[i].catatan)
    ensures r.Success? ==> forall i :: 0 <= i < |rows| ==>
      (r.value[i].Update? <==> rows[i].nilaiId.Some? && rows[i].nilaiId.value != "") &&
      (r.value[i].Update? ==> r.value[i].id == rows[i].nilaiId.value)
  {
    if selected.None? || userId.None? || |rows| == 0 {
      return Failure(NothingToSave);
    }
    var requests: seq<SaveRequest> := [];
    var i := 0;
    while i < |rows|
      invariant 0 <= i <= |rows| && |requests| == i
      invariant forall j :: 0 <= j < i ==>
        requests[j].payload == Payload(selected.value.id, rows[j].nim, rows[j].nama, userId.value,
                                       rows[j].nilaiAkhir, rows[j].catatan)
      invariant forall j :: 0 <= j < i ==>
        (requests[j].Update? <==> rows[j].nilaiId.Some? && rows[j].nilaiId.value != "") &&
        (requests[j].Update? ==> requests[j].id == rows[j].nilaiId.value)
    {
      var row := rows[i];
      var payload := Payload(selected.value.id, row.nim, row.nama, userId.value, row.nilaiAkhir, row.catatan);
      if row.nilaiId.Some? && row.nilaiId.value != "" {
        requests := requests + [Update(row.nilaiId.value, payload)];
      } else {
        requests := requests + [Create(payload)];
      }
      i := i + 1;
    }
    return Success(requests);
  }

  /** Rows freshly merged from the saved scores are saved back as updates
      exactly where a saved score for the NIM exists (record ids are never
      empty), and as creates everywhere else. */
  lemma MergedRowsUpdateExisting(es: seq<RosterEntry>, ns: seq<NilaiRecord>, i: int)
    requires 0 <= i < |es|
    requires forall j :: 0 <= j < |ns| ==> ns[j].id != ""
    ensures var row := Merge(es, ns)[i];
      (row.nilaiId.Some? && row.nilaiId.value != "") <==> exists j :: 0 <= j < |ns| && ns[j].nim == es[i].nim
  {
    var row := Merge(es, ns)[i];
    if row.nilaiId.Some? {
      var n := FindNilai(ns, es[i].nim);
      var j :| 0 <= j < |ns| && ns[j] == n.value && FirstScoreAt(ns, es[i].nim, j);
    }
  }
}
