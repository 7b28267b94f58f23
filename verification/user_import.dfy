/** The administrator's bulk import of users from a spreadsheet: the
    required-column check on the loaded sheet, the per-row lookups of the
    programme and the supervisor, and the success/error bookkeeping. */
module UserImport {
  import opened Common

  /** A parsed sheet row: the columns it has and their values. */
  type Row = map<string, string>

  datatype Role = Mahasiswa | Dpl

  function RoleName(role: Role): string {
    match role
    case Mahasiswa => "mahasiswa"
    case Dpl => "dpl"
  }

  // ------------------------------------------------------------ column check

  function RequiredColumns(role: Role): seq<string> {
    match role
    case Mahasiswa => ["nama_lengkap", "email", "nim", "password_default", "prodi", "dpl_email"]
    case Dpl => ["nama_lengkap", "email", "password_default"]
  }

  /** `requiredColumns.every(col => col in firstRow)`. */
  predicate HasAllColumns(role: Role, row: Row) {
    forall i :: 0 <= i < |RequiredColumns(role)| ==> RequiredColumns(role)[i] in row
  }

  /** A row laid out for students also passes the supervisor check. */
  lemma StudentLayoutServesDpl(row: Row)
    requires HasAllColumns(Mahasiswa, row)
    ensures HasAllColumns(Dpl, row)
  {
    assert RequiredColumns(Mahasiswa)[0] in row;
    assert RequiredColumns(Mahasiswa)[1] in row;
    assert RequiredColumns(Mahasiswa)[3] in row;
  }

  /** The supervisor check asks for exactly three columns, the student check for six. */
  lemma ColumnsNeeded(row: Row)
    ensures HasAllColumns(Dpl, row) <==> "nama_lengkap" in row && "email" in row && "password_default" in row
    ensures HasAllColumns(Mahasiswa, row) <==>
      HasAllColumns(Dpl, row) && "nim" in row && "prodi" in row && "dpl_email" in row
  {
    if HasAllColumns(Mahasiswa, row) {
      StudentLayoutServesDpl(row);
      assert RequiredColumns(Mahasiswa)[2] in row;
      assert RequiredColumns(Mahasiswa)[4] in row;
      assert RequiredColumns(Mahasiswa)[5] in row;
    }
    if HasAllColumns(Dpl, row) {
      assert RequiredColumns(Dpl)[0] in row;
      assert RequiredColumns(Dpl)[1] in row;
      assert RequiredColumns(Dpl)[2] in row;
    }
  }

  function FormatError(role: Role): string {
    "Format file tidak sesuai untuk peran \"" + RoleName(role) + "\". Pastikan semua kolom yang diperlukan ada."
  }

  const ReadError := "Gagal membaca file. Pastikan formatnya benar."
  const NothingToImport := "Tidak ada data untuk diimpor."
  const AllImported := "Semua pengguna berhasil diimpor!"

  // ----------------------------------------------------------------- lookups

  /** ASCII lower-casing of one character. */
  function LowerChar(c: char): (d: char)
    ensures 'A' <= c <= 'Z' ==> d as int == c as int + 32
    ensures !('A' <= c <= 'Z') ==> d == c
    ensures !('A' <= d <= 'Z')
  {
    if 'A' <= c <= 'Z' then (c as int + 32) as char else c
  }

  /** `toLowerCase`, on the ASCII letters. */
  function Lower(s: string): (r: string)
    ensures |r| == |s|
    ensures forall i :: 0 <= i < |s| ==> r[i] == LowerChar(s[i])
  {
    seq(|s|, i requires 0 <= i < |s| => LowerChar(s[i]))
  }

  /** Lower-casing twice is lower-casing once. */
  lemma LowerIdempotent(s: string)
    ensures Lower(Lower(s)) == Lower(s)
  {
    assert forall i :: 0 <= i < |s| ==> LowerChar(LowerChar(s[i])) == LowerChar(s[i]);
  }

  /** Pair `i` has the key and value, and no later pair has the key. */
  ghost predicate LastAt(pairs: seq<(string, string)>, key: string, v: string, i: int) {
    0 <= i < |pairs| && pairs[i] == (key, v) && forall j :: i < j < |pairs| ==> pairs[j].0 != key
  }

  /** `new Map(pairs).get(key)`: the value of the last pair with that key. */
  function LookupLast(pairs: seq<(string, string)>, key: string): (r: Option<string>)
    ensures r.None? <==> forall i :: 0 <= i < |pairs| ==> pairs[i].0 != key
    ensures r.Some? ==> exists i :: LastAt(pairs, key, r.value, i)
  {
    if |pairs| == 0 then None
    else if pairs[|pairs| - 1].0 == key then
      assert LastAt(pairs, key, pairs[|pairs| - 1].1, |pairs| - 1);
      Some(pairs[|pairs| - 1].1)
    else
      var r := LookupLast(pairs[..|pairs| - 1], key);
      assert r.Some? ==> exists i :: LastAt(pairs, key, r.value, i) by {
        if r.Some? {
          var i :| LastAt(pairs[..|pairs| - 1], key, r.value, i);
          assert LastAt(pairs, key, r.value, i);
        }
      }
      r
  }

  datatype Prodi = Prodi(namaProdi: string, id: string)
  datatype DplUser = DplUser(email: string, id: string)

  /** The programme map is keyed by the lower-cased name. */
  function ProdiPairs(ps: seq<Prodi>): (pairs: seq<(string, string)>)
    ensures |pairs| == |ps|
    ensures forall i :: 0 <= i < |ps| ==> pairs[i] == (Lower(ps[i].namaProdi), ps[i].id)
  {
    seq(|ps|, i requires 0 <= i < |ps| => (Lower(ps[i].namaProdi), ps[i].id))
  }

  /** The supervisor map is keyed by the e-mail address as stored. */
  function DplPairs(ds: seq<DplUser>): (pairs: seq<(string, string)>)
    ensures |pairs| == |ds|
    ensures forall i :: 0 <= i < |ds| ==> pairs[i] == (ds[i].email, ds[i].id)
  {
    seq(|ds|, i requires 0 <= i < |ds| => (ds[i].email, ds[i].id))
  }

  function LookupProdi(ps: seq<Prodi>, name: string): Option<string> {
    LookupLast(ProdiPairs(ps), Lower(name))
  }

  /** The programme lookup ignores the case of the name in the sheet. */
  lemma ProdiLookupIgnoresCase(ps: seq<Prodi>, name: string)
    ensures LookupProdi(ps, name) == LookupProdi(ps, Lower(name))
  {
    LowerIdempotent(name);
  }

  /** A programme whose stored name differs from the sheet's only in case is found. */
  lemma ProdiFoundAnyCase(ps: seq<Prodi>, k: int, name: string)
    requires 0 <= k < |ps| && Lower(ps[k].namaProdi) == Lower(name)
    ensures LookupProdi(ps, name).Some?
  {
    assert ProdiPairs(ps)[k].0 == Lower(name);
  }

  // ------------------------------------------------------------- one row

  /** What the row's code threw: an `Error` with its message, or another value. */
  datatype Thrown = Err(message: string) | NonError

  /** The backend's answers while one row is imported. */
  datatype RowEnv = RowEnv(
    prodis: Result<seq<Prodi>, Thrown>,
    dpls: Result<seq<DplUser>, Thrown>,
    userCreate: Result<string, Thrown>,     // the new user's id
    groupCreate: Option<Thrown>)            // None: the group was created

  datatype Request =
    | CreateUser(namaLengkap: Option<string>, email: Option<string>, nim: Option<string>,
                 password: Option<string>, role: string, prodi: Option<string>)
    | CreateGroup(ketua: string, dpl: string)

  datatype RowOutcome = RowOutcome(requests: seq<Request>, error: Option<string>)

  /** The message recorded for a failed row. */
  function MessageOf(t: Thrown, row: Row): (m: string)
    ensures t.Err? ==> m == t.message
  {
    match t
    case Err(message) => message
    case NonError => "Gagal mengimpor " + Show(Lookup(row, "email")) + "."
  }

  function ProdiNotFound(prodi: string): string {
    "Prodi \"" + prodi + "\" tidak ditemukan."
  }

  function DplNotFound(email: Option<string>): string {
    "DPL dengan email \"" + Show(email) + "\" tidak ditemukan."
  }

  /** The creation of a student: every column as read, the default
      password as the password and its confirmation, the programme found. */
  function StudentUser(row: Row, prodiId: string): Request {
    CreateUser(Lookup(row, "nama_lengkap"), Lookup(row, "email"), Lookup(row, "nim"),
               Lookup(row, "password_default"), "mahasiswa", Some(prodiId))
  }

  function DplUserRequest(row: Row): Request {
    CreateUser(Lookup(row, "nama_lengkap"), Lookup(row, "email"), None,
               Lookup(row, "password_default"), "dpl", None)
  }

  /** The supervisor found for the row's e-mail, compared exactly as
      stored; a row without the column looks up `undefined`, which no
      stored e-mail equals. */
  function DplIdFor(ds: seq<DplUser>, row: Row): Option<string> {
    if "dpl_email" in row then LookupLast(DplPairs(ds), row["dpl_email"]) else None
  }

  /** Both lists were fetched, the row has a programme column, and both
      ids were found and are non-empty. */
  predicate LookupsPass(env: RowEnv, row: Row) {
    env.prodis.Success? && env.dpls.Success? && "prodi" in row &&
    LookupProdi(env.prodis.value, row["prodi"]).Some? && LookupProdi(env.prodis.value, row["prodi"]).value != "" &&
    DplIdFor(env.dpls.value, row).Some? && DplIdFor(env.dpls.value, row).value != ""
  }

  /** One iteration of the import loop. A student row fails before any
      creation when a list cannot be fetched, its programme column is
      missing (`typeError` is the runtime's message for that), or the
      programme or supervisor is unknown; otherwise the user is created and
      then the group led by that user. A supervisor row creates one user. */
  function ImportRow(role: Role, row: Row, env: RowEnv, typeError: string): (o: RowOutcome)
    ensures role == Dpl ==> o.requests == [DplUserRequest(row)]
    ensures role == Dpl ==> (o.error.None? <==> env.userCreate.Success?)
    ensures role == Dpl && env.userCreate.Failure? ==> o.error == Some(MessageOf(env.userCreate.error, row))
    // a student row: the failures that come before any creation, in the order they are checked
    ensures role == Mahasiswa && env.prodis.Failure? ==> o == RowOutcome([], Some(MessageOf(env.prodis.error, row)))
    ensures role == Mahasiswa && env.prodis.Success? && env.dpls.Failure? ==>
      o == RowOutcome([], Some(MessageOf(env.dpls.error, row)))
    ensures role == Mahasiswa && env.prodis.Success? && env.dpls.Success? && "prodi" !in row ==>
      o == RowOutcome([], Some(typeError))
    ensures role == Mahasiswa && env.prodis.Success? && env.dpls.Success? && "prodi" in row &&
            (LookupProdi(env.prodis.value, row["prodi"]).None? || LookupProdi(env.prodis.value, row["prodi"]) == Some("")) ==>
      o == RowOutcome([], Some(ProdiNotFound(row["prodi"])))
    ensures role == Mahasiswa && env.prodis.Success? && env.dpls.Success? && "prodi" in row &&
            LookupProdi(env.prodis.value, row["prodi"]).Some? && LookupProdi(env.prodis.value, row["prodi"]).value != "" &&
            (DplIdFor(env.dpls.value, row).None? || DplIdFor(env.dpls.value, row) == Some("")) ==>
      o == RowOutcome([], Some(DplNotFound(Lookup(row, "dpl_email"))))
    // a student row is created only with both ids found
    ensures role == Mahasiswa && o.requests != [] ==> LookupsPass(env, row)
    ensures role == Mahasiswa && LookupsPass(env, row) ==>
      var prodiId := LookupProdi(env.prodis.value, row["prodi"]).value;
      var dplId := DplIdFor(env.dpls.value, row).value;
      (env.userCreate.Failure? ==>
         o == RowOutcome([StudentUser(row, prodiId)], Some(MessageOf(env.userCreate.error, row)))) &&
      (env.userCreate.Success? ==>
         o.requests == [StudentUser(row, prodiId), CreateGroup(env.userCreate.value, dplId)] &&
         (o.error.None? <==> env.groupCreate.None?) &&
         (env.groupCreate.Some? ==> o.error == Some(MessageOf(env.groupCreate.value, row))))
    ensures o.error.None? ==> |o.requests| > 0
    ensures forall i :: 0 <= i < |o.requests| && o.requests[i].CreateUser? ==> o.requests[i].role == RoleName(role)
    // the group's supervisor is the last listed supervisor with exactly the row's e-mail
    ensures role == Mahasiswa && o.error.None? ==>
      "dpl_email" in row && |o.requests| == 2 && o.requests[1].CreateGroup? &&
      exists i :: 0 <= i < |env.dpls.value| && env.dpls.value[i].email == row["dpl_email"] &&
        env.dpls.value[i].id == o.requests[1].dpl
  {
    match role
    case Dpl =>
      var req := DplUserRequest(row);
      if env.userCreate.Failure? then RowOutcome([req], Some(MessageOf(env.userCreate.error, row)))
      else RowOutcome([req], None)
    case Mahasiswa =>
      if env.prodis.Failure? then RowOutcome([], Some(MessageOf(env.prodis.error, row)))
      else if env.dpls.Failure? then RowOutcome([], Some(MessageOf(env.dpls.error, row)))
      else if "prodi" !in row then RowOutcome([], Some(typeError))
      else
        var prodiId := LookupProdi(env.prodis.value, row["prodi"]);
        var dplId := if "dpl_email" in row then LookupLast(DplPairs(env.dpls.value), row["dpl_email"]) else None;
        if prodiId.None? || prodiId.value == "" then RowOutcome([], Some(ProdiNotFound(row["prodi"])))
        else if dplId.None? || dplId.value == "" then RowOutcome([], Some(DplNotFound(Lookup(row, "dpl_email"))))
        else
          var user := StudentUser(row, prodiId.value);
          if env.userCreate.Failure? then RowOutcome([user], Some(MessageOf(env.userCreate.error, row)))
          else
            var group := CreateGroup(env.userCreate.value, dplId.value);
            if env.groupCreate.Some? then RowOutcome([user, group], Some(MessageOf(env.groupCreate.value, row)))
            else RowOutcome([user, group], None)
  }

  // ----------------------------------------------------------- the whole run

  datatype ImportLog = ImportLog(successCount: nat, errorCount: nat, errors: seq<string>, requests: seq<Request>)

  /** The loop's bookkeeping over the first rows, row by row. */
  function Log(role: Role, rows: seq<Row>, env: nat -> RowEnv, typeError: string): ImportLog {
    if |rows| == 0 then ImportLog(0, 0, [], [])
    else
      var prev := Log(role, rows[..|rows| - 1], env, typeError);
      var o := ImportRow(role, rows[|rows| - 1], env(|rows| - 1), typeError);
      if o.error.None? then ImportLog(prev.successCount + 1, prev.errorCount, prev.errors, prev.requests + o.requests)
      else ImportLog(prev.successCount, prev.errorCount + 1, prev.errors + [o.error.value], prev.requests + o.requests)
  }

  /** Every row is counted once, as a success or as an error, and there is
      exactly one message per failed row. */
  lemma {:induction false} LogCounts(role: Role, rows: seq<Row>, env: nat -> RowEnv, typeError: string)
    ensures var l := Log(role, rows, env, typeError);
      l.successCount + l.errorCount == |rows| && |l.errors| == l.errorCount
  {
    if |rows| > 0 {
      LogCounts(role, rows[..|rows| - 1], env, typeError);
    }
  }

  /** The failed rows, in row order. */
  function FailedRows(role: Role, rows: seq<Row>, env: nat -> RowEnv, typeError: string): seq<nat> {
    if |rows| == 0 then []
    else
      var prev := FailedRows(role, rows[..|rows| - 1], env, typeError);
      if ImportRow(role, rows[|rows| - 1], env(|rows| - 1), typeError).error.Some? then prev + [|rows| - 1] else prev
  }

  /** The `k`-th message belongs to the `k`-th failed row. */
  lemma {:induction false} ErrorsInRowOrder(role: Role, rows: seq<Row>, env: nat -> RowEnv, typeError: string)
    ensures var l := Log(role, rows, env, typeError);
      var f := FailedRows(role, rows, env, typeError);
      |f| == |l.errors| &&
      forall k :: 0 <= k < |f| ==>
        (f[k] < |rows| && Some(l.errors[k]) == ImportRow(role, rows[f[k]], env(f[k]), typeError).error)
    ensures var f := FailedRows(role, rows, env, typeError);
      forall k, k' :: 0 <= k < k' < |f| ==> f[k] < f[k']
  {
    if |rows| > 0 {
      var init := rows[..|rows| - 1];
      ErrorsInRowOrder(role, init, env, typeError);
      var f0 := FailedRows(role, init, env, typeError);
      forall k | 0 <= k < |f0| ensures rows[f0[k]] == init[f0[k]] { }
    }
  }

  /** A supervisor import sends one creation per row, whatever happens. */
  lemma {:induction false} DplImportOneRequestPerRow(rows: seq<Row>, env: nat -> RowEnv, typeError: string)
    ensures var l := Log(Dpl, rows, env, typeError);
      |l.requests| == |rows| &&
      forall i :: 0 <= i < |rows| ==> l.requests[i] == DplUserRequest(rows[i])
  {
    if |rows| > 0 {
      DplImportOneRequestPerRow(rows[..|rows| - 1], env, typeError);
    }
  }

  /** Rows without a programme column imported as students (a supervisor
      sheet loaded before the role was switched, for instance) all fail
      with the runtime's message and create nothing. */
  lemma {:induction false} StudentRowsWithoutProdi(rows: seq<Row>, env: nat -> RowEnv, typeError: string)
    requires forall i :: 0 <= i < |rows| ==> "prodi" !in rows[i] && env(i).prodis.Success? && env(i).dpls.Success?
    ensures var l := Log(Mahasiswa, rows, env, typeError);
      l.successCount == 0 && l.requests == [] && |l.errors| == |rows| &&
      forall k :: 0 <= k < |l.errors| ==> l.errors[k] == typeError
  {
    if |rows| > 0 {
      StudentRowsWithoutProdi(rows[..|rows| - 1], env, typeError);
    }
  }

  /** What the dialog reports when the run is over. */
  datatype Notice =
    | ErrorNotice(message: string)
    | Warning(successCount: nat, errorCount: nat, firstErrors: seq<string>)
    | SuccessNotice(message: string)

  function Summary(l: ImportLog): (n: Notice)
    ensures l.errorCount > 0 <==> n.Warning?
    ensures n.Warning? ==> n.firstErrors == Take(l.errors, 2)
    ensures n.Warning? ==> n.successCount == l.successCount && n.errorCount == l.errorCount
    ensures !n.Warning? ==> n == SuccessNotice(AllImported)
  {
    if l.errorCount > 0 then Warning(l.successCount, l.errorCount, Take(l.errors, 2))
    else SuccessNotice(AllImported)
  }

  /** The first file of the picker: its name and the rows of its first
      sheet (`None` when the file cannot be read as a workbook). */
  datatype PickedFile = PickedFile(name: string, parsed: Option<seq<Row>>)

  class UserImportDialog {
    var importRole: Role
    var data: seq<Row>
    var fileName: string
    var isOpen: bool
    var isLoading: bool
    var refreshes: nat   // calls of the page's refresh callback

    constructor (role: Role)
      ensures importRole == role && data == [] && fileName == "" && isOpen && !isLoading && refreshes == 0
    {
      importRole := role;
      data := [];
      fileName := "";
      isOpen := true;
      isLoading := false;
      refreshes := 0;
    }

    /** The role selector (`setImportRole`): only the role changes; rows
        already checked against the previous role's columns stay loaded. */
    method SetImportRole(role: Role)
      modifies this
      ensures importRole == role
      ensures data == old(data) && fileName == old(fileName) && isOpen == old(isOpen) &&
              isLoading == old(isLoading) && refreshes == old(refreshes)
    {
      importRole := role;
    }

    /** `handleFileChange`: a cancelled picker (`None`) changes nothing.
        Otherwise the file name is shown at once; the parsed rows (`None`
        when the file cannot be read) replace the data only if the sheet is
        empty or its first row has every required column. */
    method HandleFileChange(file: Option<PickedFile>) returns (error: Option<string>)
      modifies this
      ensures importRole == old(importRole) && isOpen == old(isOpen) && isLoading == old(isLoading) && refreshes == old(refreshes)
      ensures file.None? ==> error.None? && data == old(data) && fileName == old(fileName)
      ensures file.Some? ==> fileName == file.value.name
      ensures file.Some? && file.value.parsed.None? ==> error == Some(ReadError) && data == old(data)
      ensures file.Some? && file.value.parsed.Some? && |file.value.parsed.value| > 0 &&
              !HasAllColumns(importRole, file.value.parsed.value[0]) ==>
        error == Some(FormatError(importRole)) && data == old(data)
      ensures file.Some? && file.value.parsed.Some? &&
              (|file.value.parsed.value| == 0 || HasAllColumns(importRole, file.value.parsed.value[0])) ==>
        error.None? && data == file.value.parsed.value
    {
      if file.None? {
        return None;
      }
      fileName := file.value.name;
      if file.value.parsed.None? {
        return Some(ReadError);
      }
      var rows := file.value.parsed.value;
      if |rows| > 0 {
        var required := RequiredColumns(importRole);
        var ok := true;
        var i := 0;
        while i < |required|
          invariant 0 <= i <= |required|
          invariant ok <==> forall j :: 0 <= j < i ==> required[j] in rows[0]
        {
          ok := ok && required[i] in rows[0];
          i := i + 1;
        }
        if !ok {
          return Some(FormatError(importRole));
        }
      }
      data := rows;
      error := None;
    }

    /** `handleImport`: with no data only an error is reported. Otherwise
        every row is imported in order (`env(i)` answers for row `i`), the
        summary is reported, the page refreshes, the dialog closes and the
        data and file name are cleared. */
    method HandleImport(env: nat -> RowEnv, typeError: string) returns (requests: seq<Request>, notice: Notice)
      modifies this
      ensures importRole == old(importRole) && !isLoading
      ensures old(data) == [] ==>
        requests == [] && notice == ErrorNotice(NothingToImport) &&
        data == old(data) && fileName == old(fileName) && isOpen == old(isOpen) && refreshes == old(refreshes)
      ensures old(data) != [] ==>
        var l := Log(importRole, old(data), env, typeError);
        requests == l.requests && notice == Summary(l) &&
        data == [] && fileName == "" && !isOpen && refreshes == old(refreshes) + 1
    {
      if |data| == 0 {
        isLoading := false;
        return [], ErrorNotice(NothingToImport);
      }
      isLoading := true;
      var successCount, errorCount := 0, 0;
      var errors: seq<string> := [];
      requests := [];
      var i := 0;
      while i < |data|
        invariant 0 <= i <= |data|
        invariant ImportLog(successCount, errorCount, errors, requests) == Log(importRole, data[..i], env, typeError)
      {
        assert data[..i + 1][..i] == data[..i];
        var o := ImportRow(importRole, data[i], env(i), typeError);
        requests := requests + o.requests;
        if o.error.None? {
          successCount := successCount + 1;
        } else {
          errorCount := errorCount + 1;
          errors := errors + [o.error.value];
        }
        i := i + 1;
      }
      assert data[..i] == data;
      notice := Summary(ImportLog(successCount, errorCount, errors, requests));
      refreshes := refreshes + 1;
      isOpen := false;
      data := [];
      fileName := "";
      isLoading := false;
    }
  }
}
