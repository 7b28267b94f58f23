/** The student's new-report form: the "students involved" checkbox list
    and the form data sent when the report is submitted. */
module LaporanBaru {
  import opened Common

  /** `handleCheckboxChange`: a ticked name is dropped (every occurrence),
      an unticked one is appended. */
  function Toggle(prev: seq<string>, nama: string): (r: seq<string>)
    ensures nama in r <==> nama !in prev
    ensures forall i :: 0 <= i < |r| ==> r[i] == nama || r[i] in prev
    ensures forall i :: 0 <= i < |prev| && prev[i] != nama ==> prev[i] in r
    ensures nama !in prev ==> r == prev + [nama]
    ensures nama in prev ==> |r| < |prev|
  {
    if nama in prev then
      var r := Filter(prev, (n: string) => n != nama);
      assert |r| < |prev| by {
        var k :| 0 <= k < |prev| && prev[k] == nama;
        FilterConcat(prev[..k], prev[k..], (n: string) => n != nama);
        FilterConcat([prev[k]], prev[k + 1..], (n: string) => n != nama);
        assert prev[k..] == [prev[k]] + prev[k + 1..];
        assert prev == prev[..k] + prev[k..];
      }
      r
    else prev + [nama]
  }

  /** Removing a ticked name keeps the other names in their order. */
  lemma {:induction false} ToggleRemovesInOrder(a: seq<string>, nama: string, b: seq<string>)
    requires nama !in a && nama !in b
    ensures Toggle(a + [nama] + b, nama) == a + b
  {
    var p := (n: string) => n != nama;
    FilterConcat(a + [nama], b, p);
    FilterConcat(a, [nama], p);
    FilterAll(a, p);
    FilterAll(b, p);
    FilterNone([nama], p);
  }

  /** Ticking an unticked name and unticking it again restores the list. */
  lemma {:induction false} ToggleTwice(prev: seq<string>, nama: string)
    requires nama !in prev
    ensures Toggle(Toggle(prev, nama), nama) == prev
  {
    ToggleRemovesInOrder(prev, nama, []);
    assert prev + [nama] + [] == prev + [nama];
    assert prev + [] == prev;
  }

  /** A toggle keeps a duplicate-free list duplicate-free. */
  lemma ToggleKeepsNoDup(prev: seq<string>, nama: string)
    requires NoDup(prev)
    ensures NoDup(Toggle(prev, nama))
  {
    if nama in prev {
      FilterNoDup(prev, (n: string) => n != nama);
    }
  }

  /** The list after a sequence of clicks, starting from the empty list. */
  function Clicks(names: seq<string>): seq<string> {
    if |names| == 0 then [] else Toggle(Clicks(names[..|names| - 1]), names[|names| - 1])
  }

  /** However the boxes are clicked, no name is listed twice. */
  lemma {:induction false} ClicksNoDup(names: seq<string>)
    ensures NoDup(Clicks(names))
  {
    if |names| > 0 {
      ClicksNoDup(names[..|names| - 1]);
      ToggleKeepsNoDup(Clicks(names[..|names| - 1]), names[|names| - 1]);
    }
  }

  // ------------------------------------------------------------- submission

  /** A form-data value: plain text, the JSON of the involved list, or a file. */
  datatype FormValue = Text(text: string) | NamesJson(names: seq<string>) | File(file: string)

  datatype Entry = Entry(key: string, value: FormValue)

  const NoGroup := "Data kelompok tidak ditemukan."
  const PendingStatus := "Menunggu Persetujuan"

  const FileKey := "dokumen_pendukung"

  /** One `dokumen_pendukung` entry per file, in order: what the loop
      appends, and also what `new FormData(form)` takes from the file input
      (`name="dokumen_pendukung" type="file" multiple`) on its own. */
  function FileEntries(files: seq<string>): (es: seq<Entry>)
    ensures |es| == |files|
    ensures forall i :: 0 <= i < |files| ==> es[i] == Entry(FileKey, File(files[i]))
  {
    seq(|files|, i requires 0 <= i < |files| => Entry(FileKey, File(files[i])))
  }

  /** The entries the handler appends after the form's own ones. */
  function Appended(kelompokId: string, terlibat: seq<string>, files: seq<string>): seq<Entry> {
    [Entry("kelompok", Text(kelompokId)), Entry("status", Text(PendingStatus)),
     Entry("mahasiswa_terlibat", NamesJson(terlibat))] + FileEntries(files)
  }

  /** `handleSubmit`: refused without a loaded group; otherwise the form's own
      entries (`fields`), then the group, the pending status and the involved
      list, then one `dokumen_pendukung` entry per selected file in order. */
  method BuildSubmission(kelompokId: Option<string>, fields: seq<Entry>, terlibat: seq<string>,
                         dokumen: Option<seq<string>>) returns (r: Result<seq<Entry>, string>)
    ensures kelompokId.None? <==> r.Failure?
    ensures r.Failure? ==> r.error == NoGroup
    ensures r.Success? ==>
      var n := |fields|;
      var files := if dokumen.Some? then dokumen.value else [];
      r.value == fields + Appended(kelompokId.value, terlibat, files) &&
      |r.value| == n + 3 + |files| &&
      r.value[..n] == fields &&
      r.value[n] == Entry("kelompok", Text(kelompokId.value)) &&
      r.value[n + 1] == Entry("status", Text(PendingStatus)) &&
      r.value[n + 2] == Entry("mahasiswa_terlibat", NamesJson(terlibat)) &&
      forall i :: 0 <= i < |files| ==> r.value[n + 3 + i] == Entry(FileKey, File(files[i]))
  {
    if kelompokId.None? {
      return Failure(NoGroup);
    }
    var data := fields;
    data := data + [Entry("kelompok", Text(kelompokId.value))];
    data := data + [Entry("status", Text(PendingStatus))];
    data := data + [Entry("mahasiswa_terlibat", NamesJson(terlibat))];
    var files := if dokumen.Some? then dokumen.value else [];
    if dokumen.Some? {
      for i := 0 to |files|
        invariant data == fields + Appended(kelompokId.value, terlibat, files[..i])
      {
        assert files[..i + 1] == files[..i] + [files[i]];
        data := data + [Entry(FileKey, File(files[i]))];
      }
      assert files[..|files|] == files;
    } else {
      assert FileEntries([]) == [];
    }
    return Success(data);
  }

  /** How many entries carry file `f`. */
  function FileCount(es: seq<Entry>, f: string): nat {
    Count(es, (e: Entry) => e == Entry(FileKey, File(f)))
  }

  /** How often `f` was picked. */
  function Picked(files: seq<string>, f: string): nat {
    Count(files, (x: string) => x == f)
  }

  lemma FileCountConcat(a: seq<Entry>, b: seq<Entry>, f: string)
    ensures FileCount(a + b, f) == FileCount(a, f) + FileCount(b, f)
  {
    FilterConcat(a, b, (e: Entry) => e == Entry(FileKey, File(f)));
  }

  lemma {:induction false} FileEntriesCount(files: seq<string>, f: string)
    ensures FileCount(FileEntries(files), f) == Picked(files, f)
  {
    if |files| > 0 {
      var init := files[..|files| - 1];
      FileEntriesCount(init, f);
      assert FileEntries(files) == FileEntries(init) + [Entry(FileKey, File(files[|files| - 1]))];
      FileCountConcat(FileEntries(init), [Entry(FileKey, File(files[|files| - 1]))], f);
    }
  }

  lemma NoFileEntries(es: seq<Entry>, f: string)
    requires forall i :: 0 <= i < |es| ==> es[i].key != FileKey
    ensures FileCount(es, f) == 0
  {
    FilterNone(es, (e: Entry) => e == Entry(FileKey, File(f)));
  }

  /** The form's own entries already hold the picked files, between the
      other controls (`before`, `after`); with the loop's appends every
      picked file is sent twice as often as it was picked. */
  lemma SelectedFilesSentTwice(before: seq<Entry>, after: seq<Entry>, kelompokId: string,
                               terlibat: seq<string>, files: seq<string>, f: string)
    requires forall i :: 0 <= i < |before| ==> before[i].key != FileKey
    requires forall i :: 0 <= i < |after| ==> after[i].key != FileKey
    ensures FileCount(before + FileEntries(files) + after + Appended(kelompokId, terlibat, files), f) ==
      2 * Picked(files, f)
  {
    var fixed := [Entry("kelompok", Text(kelompokId)), Entry("status", Text(PendingStatus)),
                  Entry("mahasiswa_terlibat", NamesJson(terlibat))];
    FileCountConcat(before + FileEntries(files) + after, Appended(kelompokId, terlibat, files), f);
    FileCountConcat(before + FileEntries(files), after, f);
    FileCountConcat(before, FileEntries(files), f);
    FileCountConcat(fixed, FileEntries(files), f);
    FileEntriesCount(files, f);
    NoFileEntries(before, f);
    NoFileEntries(after, f);
    NoFileEntries(fixed, f);
  }
}
