# LPPM student-portal rules in Dafny

This project models the in-memory rules of the LPPM community-service
portal: a Next.js front end over a PocketBase backend, used by students
(`mahasiswa`), field supervisors (`dpl`) and the research office (`lppm`).
Each page keeps a few small rules inside its React handlers. The model pulls
those rules out and proves what they promise. The rules are:

- the supervisor's scoring page: the roster keyed by student number (NIM),
  the merge with saved scores, single-row edits and the save requests;
- the print page and the score-recap page: which reports, members and
  scores go into an exported document, `stripHtml` and the file names;
- login routing, the `/dashboard` redirector and the layout guards;
- the "students involved" checkbox list and the new-report form data;
- adding and removing group members;
- the supervisor dashboard counts and its top-five action list;
- the statistics page's counts and 30-day buckets;
- the add/edit-user dialog's password rule;
- the spreadsheet import's column check, lookups and bookkeeping;
- the status badges and display fallbacks of the report lists.

Backend calls are parameters: a fetched list, an `Option`/`Result`, or an
oracle such as `saveOk: bool` or `env: nat -> RowEnv` (one answer per row).
Navigation is a returned route. A value the backend may omit is an `Option`;
JavaScript's `x || d` on it is `Common.Fallback`. Pure handlers are functions
from the old state to the new one. The parts that mutate step by step are
methods with loops and invariants, proved equal to a specification function.
These are the roster `forEach`, the recap `push` loop, the daily bucketing,
the import loop and the form-data append loop. The member list, the user
dialog and the import dialog are classes whose methods update their fields.

Modules: `Common` (options, `filter`, counting, `slice`), `Access`,
`Badges`, `Penilaian`, `Cetak`, `NilaiRecap`, `LaporanBaru`,
`AnggotaKelompok`, `DplDashboard`, `Statistik`, `UserForm`, `UserImport`.

## Model

| member | source | states |
|---|---|---|
| Access.LoginRoute | components/login-form.tsx:36-49 | 'mahasiswa', 'dpl' and 'lppm' go to their own dashboards; any other role goes to '/dashboard' |
| Access.HandleLogin | components/login-form.tsx:25-61 | a route exists iff authentication succeeded; on success loading stays on and the notice is shown; on failure the notice is cleared, loading is off, and the error is the credentials message for a backend error, the unknown-error message otherwise |
| Access.DashboardRedirect | app/dashboard/page.tsx:10-35 | no user goes to '/login'; a known role goes to its home; the session is cleared exactly when the role is unknown, and then the route is '/login' |
| Access.LoginThenRedirect | app/dashboard/page.tsx:16-29 | the login switch and the redirector agree on every known role; an unknown role lands on '/dashboard' and is then sent to '/login' with the session cleared |
| Access.DplLayout | app/dashboard/dpl/layout.tsx:18-34 | no redirect iff the session is valid and the role is 'dpl' or 'lppm'; the placeholder is rendered iff the session is invalid |
| Access.MahasiswaLayout | app/dashboard/mahasiswa/layout.tsx:18-33 | no redirect iff the session is valid and the role is 'mahasiswa'; the children are always rendered |
| Access.LayoutsDisjoint | app/dashboard/mahasiswa/layout.tsx:20 | no session passes both layouts; 'dpl' and 'lppm' are always turned away from the student area |
| Access.LoginRouteAdmitted | app/dashboard/dpl/layout.tsx:21-25 | a login route for a known role is admitted by the layout that guards it while the session is valid |
| Access.RequireUser | app/dashboard/dpl/page.tsx:35-40 | the signed-in pages redirect to '/login' exactly when there is no user; the same guard is on app/dashboard/dpl/riwayat/page.tsx:35-40 and app/dashboard/mahasiswa/laporan/page.tsx:33-38 |
| Access.RequireMahasiswa | app/dashboard/mahasiswa/page.tsx:37-42 | the student dashboard lets through exactly a user with role 'mahasiswa'; every other case goes to '/login' |
| Access.StudentGuardsAgree | app/dashboard/mahasiswa/page.tsx:37-42 | the student dashboard's guard admits exactly the users the student layout admits on a valid session |
| Badges.LppmBadge | app/dashboard/lppm/laporan/page.tsx:62-69 | 'Disetujui', 'Menunggu Persetujuan' and 'Revisi' map to default, secondary and destructive; outline iff the status is none of the three |
| Badges.MahasiswaBadge | app/dashboard/mahasiswa/laporan/page.tsx:58-65 | the same three mappings; 'Draft' (line 20) reaches the default branch and gives outline |
| Badges.RiwayatBadge | app/dashboard/dpl/riwayat/page.tsx:66-72 | 'Revisi' is destructive and every other status is default, so only those two variants occur |
| Badges.RiwayatAgreesOnListedStatuses | app/dashboard/dpl/riwayat/page.tsx:44 | on the two statuses the history page fetches, its badge equals the administrator list's badge |
| Badges.LppmCells | app/dashboard/lppm/laporan/page.tsx:98-99 | the leader cell falls back to '-' and the supervisor cell to 'Belum Ditugaskan'; present names are shown as they are; neither cell is empty |
| Badges.DashCell | app/dashboard/mahasiswa/laporan/page.tsx:102 | a missing or empty value falls back to '-' and a present one is shown as it is; the cell is never empty (the supervisor history's leader cell uses the same fallback) |
| Penilaian.PutValid | app/dashboard/dpl/penilaian/page.tsx:125 | `Map.set` keeps keys distinct; a new key goes last; an existing key keeps its place and only its value changes; other values are untouched |
| Penilaian.MemberRosterValid | app/dashboard/dpl/penilaian/page.tsx:120-128 | the member loop yields a map with one key per NIM |
| Penilaian.MemberRosterKeys | app/dashboard/dpl/penilaian/page.tsx:122-127 | a NIM is a key iff some member with that NIM has a non-empty NIM and name; the empty NIM is never a key |
| Penilaian.MemberRosterLastWins | app/dashboard/dpl/penilaian/page.tsx:123-126 | for a duplicated NIM the roster holds the name and programme of the last qualifying member |
| Penilaian.LeaderOverwrites | app/dashboard/dpl/penilaian/page.tsx:130-135 | a leader with NIM and name maps to their name, with the programme falling back to 'Ketua'; if the NIM was a member's, the key order is unchanged |
| Penilaian.RosterDistinct | app/dashboard/dpl/penilaian/page.tsx:120-140 | the roster lists each NIM once |
| Penilaian.BuildRoster | app/dashboard/dpl/penilaian/page.tsx:120-140 | the loop and the leader's `set` produce exactly the entries of the specified roster, in key order |
| Penilaian.FindNilai | app/dashboard/dpl/penilaian/page.tsx:153 | no score iff no record has the NIM; otherwise the first record with it |
| Penilaian.Merge | app/dashboard/dpl/penilaian/page.tsx:152-162 | same length and order as the roster; NIM, name and programme carried over; with a matching record its id, score and note; without one no id, 0 and '' |
| Penilaian.SelectKelompok | app/dashboard/dpl/penilaian/page.tsx:107-172 | an empty id clears selection and list; an unknown id clears the selection and keeps the list; an empty roster gives an empty list; a failed fetch empties the list; otherwise the list is the merge |
| Penilaian.SetNilai | app/dashboard/dpl/penilaian/page.tsx:174-178 | only the score of rows with that NIM changes, to the parsed number or 0; every other row and field is unchanged |
| Penilaian.SetCatatan | app/dashboard/dpl/penilaian/page.tsx:180-182 | only the note of rows with that NIM changes |
| Penilaian.EditsKeepRoster | app/dashboard/dpl/penilaian/page.tsx:174-182 | edits never change the NIMs, names or saved-score ids of the rows |
| Penilaian.SaveAllNilai | app/dashboard/dpl/penilaian/page.tsx:185-210 | refused iff no group, no user or no rows; otherwise one request per row, in order, an update iff the row has a non-empty id, with the group, NIM, name, score, note and the user as `dpl` |
| Penilaian.MergedRowsUpdateExisting | app/dashboard/dpl/penilaian/page.tsx:152-162 | when saved records have non-empty ids, a merged row is saved as an update iff a saved score exists for its NIM, and as a create otherwise |
| Common.Find | app/dashboard/lppm/cetak/page.tsx:79 | none iff no element satisfies the predicate; otherwise the first element that does, as `find` returns (used for the group lookups of the print, score-recap and scoring pages) |
| Cetak.KelompokChange | app/dashboard/lppm/cetak/page.tsx:77-85 | an empty or unknown id changes nothing; otherwise the group is selected and the list is exactly its reports, in order, with the per-programme selections untouched |
| Cetak.Dedup | app/dashboard/lppm/cetak/page.tsx:149 | the result has no duplicates and holds exactly the values of the input |
| Cetak.DedupFirstSeenOrder | app/dashboard/lppm/cetak/page.tsx:149 | distinct values keep first-occurrence order |
| Cetak.KelompokForProdiChange | app/dashboard/lppm/cetak/page.tsx:145-153 | an unknown group changes nothing; otherwise the programme list is `Dedup` of the members' programmes (distinct, in first-occurrence order), the chosen programme is reset to '' and the per-group selection is untouched |
| Cetak.StripHtml | app/dashboard/lppm/cetak/page.tsx:95 | the result holds no '<' and is no longer than the input |
| Cetak.StripHtmlPlainText | app/dashboard/lppm/cetak/page.tsx:95 | text without '<' is returned unchanged |
| Cetak.StripHtmlIdempotent | app/dashboard/lppm/cetak/page.tsx:165 | stripping twice equals stripping once |
| Cetak.StripHtmlRemovesTag | app/dashboard/lppm/cetak/page.tsx:95 | a '<' is removed with the following non-'>' run and the closing '>'; an unclosed tag removes the rest of the text |
| Cetak.Underscored | app/dashboard/lppm/cetak/page.tsx:140 | every space becomes '_', every other character is kept, the length is unchanged |
| Cetak.ReportRows | app/dashboard/lppm/cetak/page.tsx:110-121 | row i is numbered i+1 and holds the report's title and status, its place, speaker and follow-up or '-' when empty, and its description passed through StripHtml; so no cell but the title and status is empty and no description holds '<' |
| Cetak.DownloadKelompok | app/dashboard/lppm/cetak/page.tsx:87-141 | refused iff no group is selected; otherwise the title, the leader or 'N/A', the supervisor or 'Belum Ditugaskan', every member, exactly the report rows of the selected reports, and the file name 'rekap-kelompok-<leader>.docx' |
| Cetak.DownloadPerProdi | app/dashboard/lppm/cetak/page.tsx:155-211 | refused iff no group or no programme is chosen; otherwise the title with the leader or '', the programme, the supervisor or 'Belum Ditugaskan', exactly the programme's members in order, exactly the report rows of the group's reports, and the file name with spaces underscored |
| Cetak.OfferedProdiHasMembers | app/dashboard/lppm/cetak/page.tsx:149-164 | every programme offered for a group selects at least one member |
| Cetak.ExportsListSameReports | app/dashboard/lppm/cetak/page.tsx:77-164 | with one group chosen in both panels, the two documents list the same report rows with the same supervisor, and the per-programme members are the group's members of that programme |
| NilaiRecap.ScoreRows | app/dashboard/lppm/nilai/page.tsx:84 | rows numbered i+1 with each score's name, NIM and value |
| NilaiRecap.DownloadPerKelompok | app/dashboard/lppm/nilai/page.tsx:70-96 | no id gives the error only; an unknown group or no scores gives the info message; for a found group with scores, the handler throws iff the relations are expanded without a leader and otherwise yields the document: title, heading with the leader, supervisor line (or 'N/A'), spacer, the table of exactly that group's scores, and 'nilai-kelompok-<leader>.docx' |
| NilaiRecap.DownloadKeseluruhan | app/dashboard/lppm/nilai/page.tsx:98-122 | no scores gives the info message only; a group with scores whose relations are expanded without a leader makes the handler throw; otherwise the content the loop pushes equals the specified recap |
| NilaiRecap.RecapConcat | app/dashboard/lppm/nilai/page.tsx:105-117 | the sections follow the order of the group list |
| NilaiRecap.RecapLength | app/dashboard/lppm/nilai/page.tsx:107-116 | the recap has four blocks for each group that has scores and nothing else |
| NilaiRecap.RecapIgnoresOrphan | app/dashboard/lppm/nilai/page.tsx:105-106 | a score whose group is not listed leaves the recap unchanged wherever it sits |
| NilaiRecap.RecapTablesBelong | app/dashboard/lppm/nilai/page.tsx:106-114 | every table in the recap is the score table of a listed group |
| NilaiRecap.PerGroupMatchesRecapSection | app/dashboard/lppm/nilai/page.tsx:70-117 | a per-group document shows the heading, supervisor line and table of the first group with the id exactly as that group's section of the overall recap, with the spacer before the table, and that section sits in the recap between the sections of the groups before and after it |
| LaporanBaru.Toggle | app/dashboard/mahasiswa/laporan/baru/page.tsx:69-73 | the name is in the result iff it was absent; an absent name is appended at the end; a present one shrinks the list; the other names stay |
| LaporanBaru.ToggleRemovesInOrder | app/dashboard/mahasiswa/laporan/baru/page.tsx:71 | removing a ticked name keeps the others in their order |
| LaporanBaru.ToggleTwice | app/dashboard/mahasiswa/laporan/baru/page.tsx:69-73 | ticking and unticking an absent name restores the list |
| LaporanBaru.ToggleKeepsNoDup | app/dashboard/mahasiswa/laporan/baru/page.tsx:69-73 | a toggle keeps a duplicate-free list duplicate-free |
| LaporanBaru.ClicksNoDup | app/dashboard/mahasiswa/laporan/baru/page.tsx:39 | from the empty start, no sequence of clicks lists a name twice |
| LaporanBaru.BuildSubmission | app/dashboard/mahasiswa/laporan/baru/page.tsx:75-93 | refused iff no group is loaded; otherwise the form's own entries, then the group, status 'Menunggu Persetujuan', the involved list, and one `dokumen_pendukung` entry per file in order |
| LaporanBaru.SelectedFilesSentTwice | app/dashboard/mahasiswa/laporan/baru/page.tsx:83-93 | when the form's own entries already carry the file input's files, the submission carries each picked file twice as often as it was picked |
| AnggotaKelompok.Strip | app/dashboard/mahasiswa/anggota/page.tsx:68 | the persisted list has the same length and each entry's name, NIM and programme, without the local id |
| AnggotaKelompok.Load | app/dashboard/mahasiswa/anggota/page.tsx:43 | a missing list loads as empty; the i-th member gets the i-th fresh id |
| AnggotaKelompok.LoadStripRoundTrip | app/dashboard/mahasiswa/anggota/page.tsx:43-68 | loading then stripping gives back the stored members |
| AnggotaKelompok.Remove | app/dashboard/mahasiswa/anggota/page.tsx:82 | no kept entry has the id; every entry with another id is kept |
| AnggotaKelompok.RemoveExactlyOne | app/dashboard/mahasiswa/page.tsx:103 | with distinct ids, removing row k's id deletes exactly row k and keeps the rest in order |
| AnggotaKelompok.RemoveAbsent | app/dashboard/mahasiswa/anggota/page.tsx:82 | removing an id no row has changes nothing |
| AnggotaKelompok.StripRemove | app/dashboard/mahasiswa/anggota/page.tsx:82-83 | after a remove the persisted list is the previous one without that member |
| AnggotaKelompok.GroupMembers.TambahAnggota | app/dashboard/mahasiswa/anggota/page.tsx:63-78 | nothing happens with an empty field or no group; otherwise the persisted list plus the new member is sent; only a successful save appends the member and clears the form; with a new id, the rows' ids stay distinct |
| AnggotaKelompok.GroupMembers.HapusAnggota | app/dashboard/mahasiswa/anggota/page.tsx:80-92 | nothing without a group; otherwise the list without that id is sent and committed only on success; the form is untouched; with distinct ids, exactly the row with that id is deleted, the others keep their order, and the ids stay distinct |
| AnggotaKelompok.LoadMemberPage | app/dashboard/mahasiswa/anggota/page.tsx:34-52 | a found group is loaded with its stored members; any failure leaves no group and no members |
| AnggotaKelompok.LoadDashboard | app/dashboard/mahasiswa/page.tsx:44-72 | only a 404 creates a group, with the student as leader and no members; other failures leave no group |
| DplDashboard.ComputeStats | app/dashboard/dpl/page.tsx:66-72 | pending and revision counts, the list length as total, and pending + revision ≤ total |
| DplDashboard.NeedsActionCount | app/dashboard/dpl/page.tsx:68-100 | the reports needing action number exactly pending + revision |
| DplDashboard.ActionList | app/dashboard/dpl/page.tsx:100 | the first five, in order, of the pending or revision reports; length min(5, their count); every item has one of the two statuses |
| DplDashboard.ActionListMatchesStats | app/dashboard/dpl/page.tsx:68-100 | the action list's length is min(5, pending + revision) |
| DplDashboard.Row | app/dashboard/dpl/page.tsx:102-106 | the title as stored; the leader, or '-' when missing or empty, never empty; destructive iff 'Revisi', otherwise secondary; link to the report |
| DplDashboard.RowBadgeAgrees | app/dashboard/dpl/page.tsx:104 | on listed rows the dashboard badge equals the administrator list's badge |
| DplDashboard.GreetingName | app/dashboard/dpl/page.tsx:41 | the supervisor's name when present and non-empty, otherwise 'DPL'; never empty |
| Statistik.FetchStats | app/dashboard/lppm/statistik/page.tsx:37-67 | on success the user total, the 'mahasiswa' and 'dpl' counts (summing to at most the total) and the report and field totals; a failed fetch keeps the old statistics |
| Statistik.DailyCounts | app/dashboard/lppm/statistik/page.tsx:75-96 | the dictionary loops produce the chart of today and the 29 days before, oldest first, each with its day's report count |
| Statistik.ChartAscending | app/dashboard/lppm/statistik/page.tsx:93-95 | the buckets are in ascending day order and end with today |
| Statistik.ChartTotal | app/dashboard/lppm/statistik/page.tsx:86-91 | the bucket totals add up to the number of reports within the window, at most the number of reports |
| Statistik.OutsideWindowIgnored | app/dashboard/lppm/statistik/page.tsx:88 | a report outside the window changes no bucket |
| UserForm.PrepareSubmission | app/dashboard/lppm/user-form-dialog.tsx:30-44 | a mismatch error iff the check runs (create mode, or a password entered) and password and confirmation differ; with no password in edit mode both fields are dropped; every other field passes through |
| UserForm.EditWithoutPasswordAccepted | app/dashboard/lppm/user-form-dialog.tsx:40-44 | an edit with an empty password is never refused, whatever the confirmation holds |
| UserForm.CreateNeedsMatch | app/dashboard/lppm/user-form-dialog.tsx:34-39 | an accepted creation has both password fields or neither, and equal values |
| UserForm.OutcomeToast | app/dashboard/lppm/user-form-dialog.tsx:49-63 | success messages per mode; a backend error shows its message or the default; any other error the unknown-error message |
| UserForm.UserFormDialog.HandleSubmit | app/dashboard/lppm/user-form-dialog.tsx:26-67 | no request on a mismatch; otherwise an update of the edited user or a creation with the shaped fields; closes and refreshes only on success; loading is off on every path |
| UserImport.StudentLayoutServesDpl | app/dashboard/lppm/user-import-dialog.tsx:53-55 | a first row with the six student columns also passes the three-column supervisor check |
| UserImport.ColumnsNeeded | app/dashboard/lppm/user-import-dialog.tsx:53-58 | the supervisor check needs exactly name, e-mail and default password; the student check adds NIM, programme and supervisor e-mail |
| UserImport.Lower | app/dashboard/lppm/user-import-dialog.tsx:110 | same length; ASCII capitals become lower case, other characters stay |
| UserImport.LowerIdempotent | app/dashboard/lppm/user-import-dialog.tsx:110-113 | lower-casing twice is lower-casing once |
| UserImport.LookupLast | app/dashboard/lppm/user-import-dialog.tsx:110-114 | none iff no pair has the key; otherwise the value of the last pair with it |
| UserImport.ProdiLookupIgnoresCase | app/dashboard/lppm/user-import-dialog.tsx:113 | the programme lookup gives the same answer for a name and its lower-cased form |
| UserImport.ProdiFoundAnyCase | app/dashboard/lppm/user-import-dialog.tsx:110-113 | a programme whose name differs only in case is found |
| UserImport.ImportRow | app/dashboard/lppm/user-import-dialog.tsx:104-142 | a supervisor row sends one creation with role 'dpl'; a student row fails before any request, in this order, on a failed list fetch, a missing programme column, an unknown programme or an unknown supervisor e-mail; otherwise it creates the user with the programme id found and then a group led by the new user with the id of the last supervisor whose e-mail equals the row's exactly |
| UserImport.LogCounts | app/dashboard/lppm/user-import-dialog.tsx:99-143 | successes + errors = rows, and one message per failed row |
| UserImport.ErrorsInRowOrder | app/dashboard/lppm/user-import-dialog.tsx:136-141 | the k-th message is the error of the k-th failed row, and the failed rows are in ascending order |
| UserImport.DplImportOneRequestPerRow | app/dashboard/lppm/user-import-dialog.tsx:126-134 | a supervisor import sends one creation per row, in row order |
| UserImport.StudentRowsWithoutProdi | app/dashboard/lppm/user-import-dialog.tsx:104-142 | rows without a programme column imported as students all fail with the runtime's message and send no request |
| UserImport.Summary | app/dashboard/lppm/user-import-dialog.tsx:145-152 | a warning with both counts and the first two messages iff some row failed, otherwise the success message |
| UserImport.UserImportDialog.SetImportRole | app/dashboard/lppm/user-import-dialog.tsx:174 | only the role changes; rows already loaded and checked against the previous role stay loaded |
| UserImport.UserImportDialog.HandleFileChange | app/dashboard/lppm/user-import-dialog.tsx:38-71 | a cancelled picker changes nothing; otherwise the file name is set; an unreadable file or a first row missing a required column keeps the old data; an empty sheet or a complete first row replaces it |
| UserImport.UserImportDialog.HandleImport | app/dashboard/lppm/user-import-dialog.tsx:91-159 | no data gives only the error; otherwise the loop's counts, messages and requests equal the specified log, then refresh, close, and data and file name are reset |

## Left out

- PocketBase: authentication, the CRUD calls, filter, sort and expand strings, and file URLs. Their results are parameters or oracles.
- `docx`, `Packer`, `saveAs` and the `xlsx` reader and writer. Only the rows, blocks and file names handed to them are modelled. The template download builds a fixed sheet and is not modelled.
- React plumbing: hooks, `useEffect`, abort signals, loading spinners, toasts. Toast messages are modelled as returned values where a handler chooses between them.
- The `Promise.all` fan-out of the score save is concurrency. Only the per-row create-or-update requests are modelled, not their completion or the reload after it.
- Dates: `toLocaleDateString`, and the UTC day keys on the statistics page. Days are integers and today is a parameter.
- Statistik.DailyCounts: the output comes from a loop over the window in day order, not from sorting the dictionary's entries by date. Both give the same ascending list.
- `JSON.stringify` of the involved-students list. The list itself is carried in a `NamesJson` form value.
- `toLowerCase` beyond ASCII. Unicode case mapping is not modelled.
- `Number(value)` parsing of the score input. The parsed number is a parameter (`None` when it is not a number).
- UserImport.ImportRow: the message of the runtime `TypeError` raised when a student row has no programme column is a parameter.
- UserImport.ImportRow: no rollback. A student user whose group creation fails stays created, and the row counts as an error; the model follows the code in this.
- LaporanBaru.BuildSubmission: `fields` stands for `new FormData(form)`, which already holds one `dokumen_pendukung` entry per file in the file input. The loop appends every file again, so each picked file is sent twice; the model keeps this, and LaporanBaru.SelectedFilesSentTwice states it.
- AnggotaKelompok.Member: the dashboard saves each member with every stored field except the local id, while the member page writes exactly name, NIM and `prodi`. The model keeps only the three fields, so extra stored fields that the dashboard would carry along are not represented.
- AnggotaKelompok.Member: both member pages write the programme as `prodi`, while the scoring page and the print page read `prodiNama`. No writer of `prodiNama` is part of this model, so the members' programmes there (`Cetak.Anggota.prodiNama`, `Penilaian.Anggota.prodiNama`) are inputs and are not tied to what the member pages store.
- The mahasiswa dashboard and the member page load with an abort signal. Cancellation is not modelled.
- Presentational and CRUD-forwarding files (landing page, layouts of the root and navigation, sidebar, programme, field, group and user management lists, the student's score view) hold no rules of their own and are not part of this model.
